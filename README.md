# WeatherForecast: the fetch, cache and error layer in Dafny

This project models the decision logic of the WeatherForecast system in Dafny. The system is an Android client that shows current weather and a five-day forecast for the device's location, backed by a small Flask server. The model covers these parts.

**Client weather layer (`Repository`)**
- `WeatherRepository` keeps two coordinate-keyed caches, one for current weather and one for forecasts, in front of a remote call.
- It comes in a LiveData-publishing variant, a one-shot `WeatherCallback` variant and a `SimpleWeatherCallback` variant.

**Error taxonomy (`ErrorTypes`, `ErrorStates`, `ErrorHandling`, `ErrorScreen`)**
- The thirteen `ErrorType` constants and `fromThrowable`.
- The immutable `ErrorState`.
- `ErrorHandler`: the three `handleError` overloads, its logging and forwarding, and its routing predicates.
- The error page's title, icon and button rules.

**View models (`WeatherViewModels`, `LocationViewModels`)**
- `WeatherViewModel`: loading, retry and the keyword classifier for use-case errors.
- `LocationViewModel`: the permission check, the one-shot fetch and the tracking.

**Location provider (`Locations`)**
- `LocationProvider`: the permission and services predicates.
- The last-known → network fallback chain.
- The registration of tracking callbacks.

**Activity (`Activity`)**
- `MainActivity`: the location-error mapping, error routing, retry, the permission check and the lifecycle hooks.
- It is modelled as decision logic: each method returns the UI calls it would make, as a sequence of `Action`s.

**Server (`ServerApp`, `ServerStats`)**
- `app.py`: coordinate validation, `create_response` and the 400/400/404/500/200 ladder of both weather routes.
- `log_manager.py`: the request and error counters, kept as in-memory maps.

**How the model is built**
- The platform's answers are parameters of the operations that need them:
  - connectivity (`online`);
  - granted permissions (`Permissions`);
  - location-provider switches (`ProviderStatus`);
  - the fix a device query would return (`DeviceFix`);
  - the outcome of an HTTP call (`HttpOutcome`): a transport failure, or a status code, a reason and an optional `ApiResponse` envelope.
- Every object whose fields the source updates is a Dafny class.
- Each method of such a class is proved against a pure specification function of the old state. For example, `FetchCurrent` is proved against `Fetch`, and `LoadCurrentWeather` against `LoadCurrentSpec`.
- The lemmas then state the source's promises about those functions.

Two facts about the client shape the model:
- The repository consults its cache before it checks connectivity (`AndroidClient/app/src/main/java/data/repository/WeatherRepository.java:118-137`). Cached data is therefore served offline, and connectivity is looked at only on a miss.
- `ErrorType` has thirteen constants, `GPS_UNAVAILABLE` included.

## Model

Source paths are relative to the repository root.

| member | source | states |
|---|---|---|
| ApiModel.ApiResponse.IsSuccess | AndroidClient/app/src/main/java/data/model/ApiResponse.java:22 | whether the envelope reports success; `IsSuccessExactly` states that this holds iff the status is exactly "success" |
| ApiModel.IsSuccessExactly | AndroidClient/app/src/main/java/data/model/ApiResponse.java:17-22 | an envelope is a success iff its status is exactly "success" (null, "Success" and padded strings are not); the data and message do not affect it |
| ErrorTypes.Message | AndroidClient/app/src/main/java/error/ErrorType.java:4-26 | each constant's default message; `MessagesIdentifyTheType` states that every message is non-empty and that no two constants share one |
| ErrorTypes.EnumerationIsClosed | AndroidClient/app/src/main/java/error/ErrorType.java:3-16 | the enumeration has exactly 13 distinct constants, every type is among them, GPS_UNAVAILABLE included |
| ErrorTypes.MessagesIdentifyTheType | AndroidClient/app/src/main/java/error/ErrorType.java:4-26 | every constant's default message is non-empty and no two constants share one |
| ErrorTypes.NamesIdentifyTheType | AndroidClient/app/src/main/java/error/ErrorType.java:3-16 | constant names are distinct, so `toString` identifies the type |
| ErrorTypes.FromThrowable | AndroidClient/app/src/main/java/error/ErrorType.java:28-40 | the error type of an exception; `FromThrowableByClass` states the class-by-class mapping and `FromThrowableIgnoresMessage` that the message plays no part |
| ErrorTypes.FromThrowableByClass | AndroidClient/app/src/main/java/error/ErrorType.java:28-40 | UnknownHost → NETWORK_UNAVAILABLE, SocketTimeout (an IOException) → NETWORK_TIMEOUT, other IOException → NETWORK_UNAVAILABLE, JsonSyntax → JSON_PARSING_ERROR, anything else → UNKNOWN_ERROR; the result is always one of those four, and NETWORK_UNAVAILABLE exactly for non-timeout IOExceptions |
| ErrorTypes.FromThrowableIgnoresMessage | AndroidClient/app/src/main/java/error/ErrorType.java:28-40 | the classification depends only on the exception's class, never on its message |
| ErrorStates.NewErrorState | AndroidClient/app/src/main/java/error/ErrorState.java:20-26 | the full constructor; `NewErrorStateFields` states that type, throwable and criticality are stored as given and a null message becomes the default |
| ErrorStates.NewErrorStateFields | AndroidClient/app/src/main/java/error/ErrorState.java:20-26 | the full constructor stores type, throwable and criticality as given; a null message becomes the type's non-empty default |
| ErrorStates.ShortConstructorsAreDefaults | AndroidClient/app/src/main/java/error/ErrorState.java:12-18 | the one- and two-argument constructors give no throwable and critical=false, the one-argument one the default message |
| ErrorStates.ToString | AndroidClient/app/src/main/java/error/ErrorState.java:50-57 | the debug rendering; `ToStringShape` states its prefix, its embedded message and its suffix |
| ErrorStates.ToStringShape | AndroidClient/app/src/main/java/error/ErrorState.java:50-57 | the rendering starts with `ErrorState{errorType=<NAME>, message='`, then the message itself, and ends with `}` |
| ErrorHandling.DetailedErrorMessage | AndroidClient/app/src/main/java/error/ErrorHandler.java:145-172 | the user-facing message; `DetailedErrorMessageExtendsBase` states that it begins with the type's base message, and `DetailedErrorMessageExamples` gives the per-type suffixes |
| ErrorHandling.DetailedErrorMessageExtendsBase | AndroidClient/app/src/main/java/error/ErrorHandler.java:145-172 | the detailed message always begins with the type's base message, equals it without a throwable, and is longer exactly for the five types with a fixed suffix or INVALID_DATA with a throwable message |
| ErrorHandling.DetailedErrorMessageExamples | AndroidClient/app/src/main/java/error/ErrorHandler.java:145-172 | NETWORK_UNAVAILABLE adds ". Please check your internet connection."; INVALID_DATA adds ": m" only when the throwable has a message m; JSON_PARSING_ERROR adds nothing |
| ErrorHandling.ShouldForward | AndroidClient/app/src/main/java/error/ErrorHandler.java:177-189 | the filter for errors sent to the server; `RoutingPredicates` states which errors it passes and `Forwardable` that exactly those are forwarded |
| ErrorHandling.ShouldShowErrorScreen | AndroidClient/app/src/main/java/error/ErrorHandler.java:194-198 | whether an error opens the full error screen; `RoutingPredicates` states the exact set |
| ErrorHandling.IsRetryPossible | AndroidClient/app/src/main/java/error/ErrorHandler.java:203-206 | whether a retry is offered; `RoutingPredicates` states that it fails exactly for LOCATION_PERMISSION_DENIED and API_KEY_MISSING |
| ErrorHandling.Forwardable | AndroidClient/app/src/main/java/error/ErrorHandler.java:177-189 | the errors forwarded to the server are exactly the logged errors that pass the forwarding filter |
| ErrorHandling.RoutingPredicates | AndroidClient/app/src/main/java/error/ErrorHandler.java:177-206 | retry is impossible iff the type is LOCATION_PERMISSION_DENIED or API_KEY_MISSING; the error screen is shown for every critical error and, for non-critical ones, iff the type is SERVER_UNAVAILABLE or NETWORK_UNAVAILABLE; an error is not forwarded iff its type is NETWORK_UNAVAILABLE or NETWORK_TIMEOUT |
| ErrorHandling.ErrorHandler.constructor | AndroidClient/app/src/main/java/error/ErrorHandler.java:24-27 | a new handler has logged and forwarded nothing |
| ErrorHandling.ErrorHandler.LogError | AndroidClient/app/src/main/java/error/ErrorHandler.java:177-189 | every error is appended to the log; it is appended to the forwarded errors iff it passes the filter |
| ErrorHandling.ErrorHandler.HandleThrowable | AndroidClient/app/src/main/java/error/ErrorHandler.java:57-67 | the result has the type `fromThrowable` gives, the detailed message, the throwable and the requested criticality, and is logged once |
| ErrorHandling.ErrorHandler.HandleTypeWithMessage | AndroidClient/app/src/main/java/error/ErrorHandler.java:81-88 | the result carries the type, the message (the default when null), no throwable and the requested criticality, and is logged once |
| ErrorHandling.ErrorHandler.HandleType | AndroidClient/app/src/main/java/error/ErrorHandler.java:73-75 | the result carries the type's default message and no throwable, and is logged once |
| ErrorHandling.HandledThrowableState | AndroidClient/app/src/main/java/error/ErrorHandler.java:57-67 | an error built from a throwable keeps it and the criticality, has one of the four throwable kinds with the matching detailed message, and is forwarded iff the exception is not an IOException |
| ErrorScreen.Title | AndroidClient/app/src/main/java/ui/fragment/ErrorFragment.java:124-141 | the error screen's title; `GenericTitle` and `TitlesAndIconsGroupAlike` state which types share a title |
| ErrorScreen.IconFor | AndroidClient/app/src/main/java/ui/fragment/ErrorFragment.java:143-158 | the error screen's icon; `TitlesAndIconsGroupAlike` states that it agrees with the title grouping |
| ErrorScreen.Setup | AndroidClient/app/src/main/java/ui/fragment/ErrorFragment.java:76-122 | the page set up for an error state; `SetupShowsTheError` states every field of it and `ButtonsAgreeWithHandler` that its buttons follow the handler |
| ErrorScreen.RetryClick | AndroidClient/app/src/main/java/ui/fragment/ErrorFragment.java:102-108 | a Retry click runs the retry action iff one was given, and always ends by navigating back |
| ErrorScreen.ButtonsAgreeWithHandler | AndroidClient/app/src/main/java/ui/fragment/ErrorFragment.java:110-121 | the page's Retry button is visible iff the handler's `isRetryPossible` holds, and Settings (denied permission only) never appears with Retry |
| ErrorScreen.TitlesAndIconsGroupAlike | AndroidClient/app/src/main/java/ui/fragment/ErrorFragment.java:124-158 | types with the same title have the same icon; the only types sharing an icon but not a title are the two location types |
| ErrorScreen.GenericTitle | AndroidClient/app/src/main/java/ui/fragment/ErrorFragment.java:124-141 | "Something Went Wrong" is the title of exactly the six types without a case of their own |
| ErrorScreen.SetupShowsTheError | AndroidClient/app/src/main/java/ui/fragment/ErrorFragment.java:76-122 | a null error state sets up nothing; otherwise the page shows the state's own message and its type's title and icon, the details exactly in a debug build for an error with a throwable, and the Retry and Settings buttons as the type decides |
| Repository.WeatherRepository.constructor | AndroidClient/app/src/main/java/data/repository/WeatherRepository.java:36-56 | a new repository has empty caches, empty channels, no remote calls and a fresh handler |
| Repository.WeatherRepository.ResolveRemote | AndroidClient/app/src/main/java/data/repository/WeatherRepository.java:403-450 | a remote outcome is resolved by the classification function, and a rejection is logged once through the handler |
| Repository.WeatherRepository.FetchCurrent | AndroidClient/app/src/main/java/data/repository/WeatherRepository.java:236-289 | a current-weather fetch takes the step `Fetch` prescribes (cache, then connectivity with a critical offline error, then the remote outcome), writes the cache only as that step says, records a remote call only on the remote path, logs only that step's error, and leaves the forecast cache and the LiveData channels alone |
| Repository.WeatherRepository.RemoteCurrent | AndroidClient/app/src/main/java/data/repository/WeatherRepository.java:256-288 | the remote path for current weather: one recorded request, the resolved outcome, and the cache written only on a delivered success |
| Repository.WeatherRepository.FetchForecast | AndroidClient/app/src/main/java/data/repository/WeatherRepository.java:294-347 | as FetchCurrent on the forecast cache, with a non-critical offline error |
| Repository.WeatherRepository.RemoteForecast | AndroidClient/app/src/main/java/data/repository/WeatherRepository.java:314-346 | the remote path for forecasts, as RemoteCurrent |
| Repository.WeatherRepository.GetCurrentWeatherWithCallback | AndroidClient/app/src/main/java/data/repository/WeatherRepository.java:236-289 | exactly one callback call, the one the fetch step determines, with the cache, remote calls and log updated as for that step |
| Repository.WeatherRepository.GetForecastWithCallback | AndroidClient/app/src/main/java/data/repository/WeatherRepository.java:294-347 | as GetCurrentWeatherWithCallback for forecasts |
| Repository.WeatherRepository.GetCurrentWeatherWithSimpleCallback | AndroidClient/app/src/main/java/data/repository/WeatherRepository.java:352-364 | the simple adapter delivers exactly one call: the data, or the error's message |
| Repository.WeatherRepository.GetForecastWithSimpleCallback | AndroidClient/app/src/main/java/data/repository/WeatherRepository.java:369-381 | as GetCurrentWeatherWithSimpleCallback for forecasts |
| Repository.WeatherRepository.GetCurrentWeather | AndroidClient/app/src/main/java/data/repository/WeatherRepository.java:118-172 | the LiveData variant publishes what the fetch step determines: data on a hit or success, the error and its message on failure; the forecast data is never touched; the whole repository (caches, channels, requests, handler log) becomes `AfterCurrent` of its old state |
| Repository.WeatherRepository.GetForecast | AndroidClient/app/src/main/java/data/repository/WeatherRepository.java:177-231 | as GetCurrentWeather for forecasts, with the whole repository becoming `AfterForecast` of its old state; the current-weather data is never touched |
| Repository.WeatherRepository.ClearCache | AndroidClient/app/src/main/java/data/repository/WeatherRepository.java:386-390 | both caches become empty; channels and remote calls are unchanged |
| Repository.WeatherRepository.ClearCacheAt | AndroidClient/app/src/main/java/data/repository/WeatherRepository.java:395-400 | exactly the given key is removed from both caches; every other entry stays |
| Repository.HttpErrorType | AndroidClient/app/src/main/java/data/repository/WeatherRepository.java:413-422 | the error type of an HTTP failure code; `HttpErrorClassification` states it |
| Repository.HttpErrorMessage | AndroidClient/app/src/main/java/data/repository/WeatherRepository.java:413-422 | the message of an HTTP failure; `HttpErrorClassification` states its content |
| Repository.Resolve | AndroidClient/app/src/main/java/data/repository/WeatherRepository.java:403-450 | how a remote outcome resolves; `HttpErrorClassification` and `EnvelopeAndTransportFailures` state each failure and `CacheWrittenOnlyOnRemoteSuccess` the success case |
| Repository.Fetch | AndroidClient/app/src/main/java/data/repository/WeatherRepository.java:118-172 | the step a fetch takes; `CacheHitBypassesNetwork`, `OfflineMissIsNetworkUnavailable`, `CacheWrittenOnlyOnRemoteSuccess` and `SecondFetchServedFromCache` state its cases |
| Repository.CacheHitBypassesNetwork | AndroidClient/app/src/main/java/data/repository/WeatherRepository.java:118-125 | on a cache hit, online or not, nothing is requested or logged, the cache is unchanged, the cached value is delivered and the error channels are untouched |
| Repository.OfflineMissIsNetworkUnavailable | AndroidClient/app/src/main/java/data/repository/WeatherRepository.java:128-137 | an offline miss yields NETWORK_UNAVAILABLE with the caller's criticality, makes no request, and leaves cache and data unchanged |
| Repository.HttpErrorClassification | AndroidClient/app/src/main/java/data/repository/WeatherRepository.java:413-422 | an unsuccessful code or a missing body is rejected: code ≥ 500 → SERVER_ERROR critical, otherwise INVALID_DATA non-critical, with message "HTTP Error <code> (<endpoint>): <reason>" |
| Repository.EnvelopeAndTransportFailures | AndroidClient/app/src/main/java/data/repository/WeatherRepository.java:403-450 | an envelope failure is SERVER_ERROR, non-critical, "API Error (<endpoint>): <message>"; a transport failure takes `fromThrowable`'s type, is non-critical and keeps the throwable |
| Repository.CacheWrittenOnlyOnRemoteSuccess | AndroidClient/app/src/main/java/data/repository/WeatherRepository.java:263-269 | the cache is written iff there was a miss, the device is online, the code is 2xx, the body is present and the envelope is a success; the stored value is exactly the delivered one; otherwise the cache is unchanged |
| Repository.ExactlyOneCallback | AndroidClient/app/src/main/java/data/repository/WeatherRepository.java:236-381 | every step produces one callback, `onError` exactly when the step has an error (carrying that error), and the simple adapter follows it |
| Repository.ChannelDiscipline | AndroidClient/app/src/main/java/data/repository/WeatherRepository.java:118-172 | error paths never overwrite the data; a remote success clears both error channels; off the cache path the message channel always mirrors the error channel |
| Repository.SecondFetchServedFromCache | AndroidClient/app/src/main/java/data/repository/WeatherRepository.java:118-151 | after a stored success, the next fetch for the same key is a cache hit whatever the connectivity and outcome |
| Repository.ClearedKeyGoesRemote | AndroidClient/app/src/main/java/data/repository/WeatherRepository.java:386-400 | after either clear, an online fetch for the cleared key goes remote, and other keys' entries are unaffected |
| WeatherViewModels.RetryTarget | AndroidClient/app/src/main/java/ui/viewmodel/WeatherViewModel.java:132-141 | a retry goes to the last coordinates iff both are nonzero, otherwise to the default (55.7558, 37.6173); never to a zero coordinate |
| WeatherViewModels.WeatherViewModel.constructor | AndroidClient/app/src/main/java/ui/viewmodel/WeatherViewModel.java:35-45 | a new view model is not loading, has no data, no errors and zero last coordinates |
| WeatherViewModels.WeatherViewModel.HandleUseCaseError | AndroidClient/app/src/main/java/ui/viewmodel/WeatherViewModel.java:143-185 | a string error sets the classified error state, the raw message and loading off together, and is logged once |
| WeatherViewModels.WeatherViewModel.OnCurrentPublished | AndroidClient/app/src/main/java/ui/viewmodel/WeatherViewModel.java:47-64 | the reaction to a current-weather publication: non-null data is stored with loading off and errors cleared; an error goes through the use-case error path |
| WeatherViewModels.WeatherViewModel.OnForecastPublished | AndroidClient/app/src/main/java/ui/viewmodel/WeatherViewModel.java:66-81 | as OnCurrentPublished, but a forecast success leaves the loading flag as it was |
| WeatherViewModels.WeatherViewModel.LoadCurrentWeather | AndroidClient/app/src/main/java/ui/viewmodel/WeatherViewModel.java:84-104 | the coordinates are recorded first; offline gives a critical NETWORK_UNAVAILABLE with loading off, logged once, and leaves the whole repository unchanged; online sets loading, the repository becomes `AfterCurrent` of its old state and the view model reacts to its answer |
| WeatherViewModels.WeatherViewModel.LoadForecast | AndroidClient/app/src/main/java/ui/viewmodel/WeatherViewModel.java:106-123 | the coordinates are recorded first; offline gives a non-critical NETWORK_UNAVAILABLE without touching the loading flag and leaves the whole repository unchanged; online the repository becomes `AfterForecast` of its old state and the view model reacts to its answer |
| WeatherViewModels.WeatherViewModel.FetchCurrentOnline | AndroidClient/app/src/main/java/ui/viewmodel/WeatherViewModel.java:102-103 | the online half of a current-weather load: the view model reacts to the repository's answer, logs its error if any, and the repository becomes `AfterCurrent` of its old state |
| WeatherViewModels.WeatherViewModel.FetchForecastOnline | AndroidClient/app/src/main/java/ui/viewmodel/WeatherViewModel.java:121-122 | the online half of a forecast load, as FetchCurrentOnline with `AfterForecast` |
| WeatherViewModels.WeatherViewModel.LoadBoth | AndroidClient/app/src/main/java/ui/viewmodel/WeatherViewModel.java:125-141 | current weather then forecast at one location: the view state is LoadForecastSpec after LoadCurrentSpec, each load's error is logged in order, and the repository becomes `BothLoaded` of its old state |
| WeatherViewModels.WeatherViewModel.RetryLastRequest | AndroidClient/app/src/main/java/ui/viewmodel/WeatherViewModel.java:132-141 | both loads run, in order, at the retry target: the view state is the forecast load after the current load, the view model logs both loads' errors in order, and the repository becomes `BothLoaded` (both fetches online, unchanged offline) |
| WeatherViewModels.WeatherViewModel.LoadWeatherForLastLocation | AndroidClient/app/src/main/java/ui/viewmodel/WeatherViewModel.java:125-130 | with both last coordinates nonzero both loads run there, with the view state, the log and the repository as for RetryLastRequest; otherwise nothing changes, neither the view model nor the repository, and nothing is requested or logged |
| WeatherViewModels.WeatherViewModel.HandleExternalError | AndroidClient/app/src/main/java/ui/viewmodel/WeatherViewModel.java:188-191 | an external error is published and loading is turned off; nothing else changes |
| WeatherViewModels.WeatherViewModel.ClearError | AndroidClient/app/src/main/java/ui/viewmodel/WeatherViewModel.java:193-196 | only the two error channels are reset |
| WeatherViewModels.ClassifyUseCaseError | AndroidClient/app/src/main/java/ui/viewmodel/WeatherViewModel.java:143-178 | the error type of a message string; `ClassifierFirstMatch`, `FirstGroupWins`, `TimeoutAlone` and `CapitalisedServerIsUnknown` state it |
| WeatherViewModels.LoadCurrentSpec | AndroidClient/app/src/main/java/ui/viewmodel/WeatherViewModel.java:84-104 | the view state after a current-weather load; `LoadOfflineEffects` and `LoadCurrentOnline` state it offline and online |
| WeatherViewModels.LoadForecastSpec | AndroidClient/app/src/main/java/ui/viewmodel/WeatherViewModel.java:106-123 | the view state after a forecast load; `LoadOfflineEffects` and `LoadForecastOnline` state it offline and online |
| WeatherViewModels.ClassifierFirstMatch | AndroidClient/app/src/main/java/ui/viewmodel/WeatherViewModel.java:143-178 | each class is chosen iff its keywords occur and no earlier group's do: network/connection, server/unavailable, timeout, location/GPS, invalid/parse, else UNKNOWN_ERROR |
| WeatherViewModels.FirstGroupWins | AndroidClient/app/src/main/java/ui/viewmodel/WeatherViewModel.java:148-156 | "network timeout" is NETWORK_UNAVAILABLE: the earlier group wins |
| WeatherViewModels.TimeoutAlone | AndroidClient/app/src/main/java/ui/viewmodel/WeatherViewModel.java:156-158 | "timeout" alone is NETWORK_TIMEOUT |
| WeatherViewModels.CapitalisedServerIsUnknown | AndroidClient/app/src/main/java/ui/viewmodel/WeatherViewModel.java:143-178 | matching is case-sensitive: "Server" is UNKNOWN_ERROR and keeps the raw message |
| WeatherViewModels.RepositoryOfflineMessageIsNetworkError | AndroidClient/app/src/main/java/ui/viewmodel/WeatherViewModel.java:143-185 | the repository's offline message classifies back as NETWORK_UNAVAILABLE with its default message |
| WeatherViewModels.LoadOfflineEffects | AndroidClient/app/src/main/java/ui/viewmodel/WeatherViewModel.java:84-123 | offline loads change only the last coordinates, the error state and (current only) loading; current is critical, forecast is not |
| WeatherViewModels.LoadCurrentOnline | AndroidClient/app/src/main/java/ui/viewmodel/WeatherViewModel.java:84-104 | online: data success stores the data with errors cleared and loading off; an error keeps the data and publishes a non-critical error; loading stays on only for a null-data success |
| WeatherViewModels.LoadForecastOnline | AndroidClient/app/src/main/java/ui/viewmodel/WeatherViewModel.java:106-123 | online: a forecast success keeps the loading flag and the current data and clears errors; an error keeps the forecast and turns loading off |
| WeatherViewModels.RetryWithoutHistoryUsesDefault | AndroidClient/app/src/main/java/ui/viewmodel/WeatherViewModel.java:132-141 | with a zero last coordinate, retry loads the default location and records it |
| Locations.LocationProvider.constructor | AndroidClient/app/src/main/java/data/location/LocationProvider.java:38-42 | no callback is registered and the executor runs |
| Locations.LocationProvider.GetLastKnownLocation | AndroidClient/app/src/main/java/data/location/LocationProvider.java:81-99 | exactly one listener call; the device is queried only with permission |
| Locations.LocationProvider.GetNetworkLocation | AndroidClient/app/src/main/java/data/location/LocationProvider.java:159-180 | exactly one listener call; the device is queried only with the coarse permission |
| Locations.LocationProvider.GetLocationWithFallback | AndroidClient/app/src/main/java/data/location/LocationProvider.java:185-198 | exactly one listener call, the fallback outcome, with the device queries the chain issues |
| Locations.LocationProvider.StartLocationUpdates | AndroidClient/app/src/main/java/data/location/LocationProvider.java:105-128 | the registration follows StartSpec: nothing without permission, otherwise the callback is stored and registered |
| Locations.LocationProvider.StopLocationUpdates | AndroidClient/app/src/main/java/data/location/LocationProvider.java:133-138 | the registration follows StopSpec: the current callback, if any, is removed and cleared |
| Locations.LocationProvider.Shutdown | AndroidClient/app/src/main/java/data/location/LocationProvider.java:203-206 | stop, then the executor is shut down |
| Locations.HasLocationPermission | AndroidClient/app/src/main/java/data/location/LocationProvider.java:47-56 | whether either location permission is granted; `FineOnlyRefusesNetwork` states the consequence of fine-only permission |
| Locations.IsLocationEnabled | AndroidClient/app/src/main/java/data/location/LocationProvider.java:143-153 | whether location services are on; `LocationEnabledCases` states it |
| Locations.LastKnownOutcome | AndroidClient/app/src/main/java/data/location/LocationProvider.java:81-99 | what the last-known query reports; `FallbackChain` and `NoPermissionReportsCoarseMessage` state it |
| Locations.NetworkOutcome | AndroidClient/app/src/main/java/data/location/LocationProvider.java:159-180 | what the network query reports; `FallbackChain` and `FineOnlyRefusesNetwork` state it |
| Locations.FallbackOutcome | AndroidClient/app/src/main/java/data/location/LocationProvider.java:185-198 | what the fallback chain reports; `FallbackChain` states it |
| Locations.StartSpec | AndroidClient/app/src/main/java/data/location/LocationProvider.java:105-128 | the registration after start; `TrackingRegistration` and `StartStop` state it |
| Locations.StopSpec | AndroidClient/app/src/main/java/data/location/LocationProvider.java:133-138 | the registration after stop; `TrackingRegistration` and `StartStop` state it |
| Locations.FallbackChain | AndroidClient/app/src/main/java/data/location/LocationProvider.java:185-198 | a last-known success is final and the network is never asked; a last-known error leads to at most one network query, whose outcome is final; a location results iff a fix is available on a path the permissions allow |
| Locations.NoPermissionReportsCoarseMessage | AndroidClient/app/src/main/java/data/location/LocationProvider.java:82-84 | with no permission, the listener finally hears "Coarse location permission not granted", and no device is queried |
| Locations.FineOnlyRefusesNetwork | AndroidClient/app/src/main/java/data/location/LocationProvider.java:159-164 | fine-only permission counts as permission, yet without a last fix the fallback fails on the coarse check |
| Locations.TrackingRegistration | AndroidClient/app/src/main/java/data/location/LocationProvider.java:105-138 | stop is idempotent and leaves no callback; start without permission changes nothing; with permission it stores and registers the callback |
| Locations.StartStop | AndroidClient/app/src/main/java/data/location/LocationProvider.java:105-138 | start then stop restores the registrations; after two starts a stop leaves the first callback registered |
| Locations.LocationEnabledCases | AndroidClient/app/src/main/java/data/location/LocationProvider.java:143-153 | location is enabled iff the GPS or network provider is on; an exception counts as disabled |
| LocationViewModels.LocationViewModel.constructor | AndroidClient/app/src/main/java/data/location/LocationViewModel.java:30-36 | a new view model with its own provider, not loading, after one permission check |
| LocationViewModels.LocationViewModel.CheckPermissions | AndroidClient/app/src/main/java/data/location/LocationViewModel.java:57-69 | the state follows CheckSpec; the outcomes are stated in CheckPermissionsOutcomes |
| LocationViewModels.LocationViewModel.FetchCurrentLocation | AndroidClient/app/src/main/java/data/location/LocationViewModel.java:74-111 | the state follows FetchSpec and the device queries follow FetchQueries; the outcomes are stated in FetchOutcomes and FetchFollowsFallback |
| LocationViewModels.LocationViewModel.OnFetchOutcome | AndroidClient/app/src/main/java/data/location/LocationViewModel.java:94-109 | a location result is published with the error cleared and loading off; an error is published with loading off and the location kept |
| LocationViewModels.LocationViewModel.StartLocationTracking | AndroidClient/app/src/main/java/data/location/LocationViewModel.java:116-135 | without permission only the error is set and nothing is registered; with it one new callback is registered with the provider |
| LocationViewModels.LocationViewModel.OnTrackingResult | AndroidClient/app/src/main/java/data/location/LocationViewModel.java:123-131 | a tracking result publishes the location only when it is non-null |
| LocationViewModels.LocationViewModel.ClearError | AndroidClient/app/src/main/java/data/location/LocationViewModel.java:140-142 | only the location error is reset |
| LocationViewModels.LocationViewModel.UpdateLocation | AndroidClient/app/src/main/java/data/location/LocationViewModel.java:147-149 | only the location is set, to the value given |
| LocationViewModels.LocationViewModel.OnCleared | AndroidClient/app/src/main/java/data/location/LocationViewModel.java:152-156 | the provider is stopped and shut down, then the own executor; the published state is unchanged |
| LocationViewModels.CheckSpec | AndroidClient/app/src/main/java/data/location/LocationViewModel.java:57-69 | the state after a permission check; `CheckPermissionsOutcomes` states it |
| LocationViewModels.FetchSpec | AndroidClient/app/src/main/java/data/location/LocationViewModel.java:74-111 | the state after a location fetch; `FetchOutcomes` and `FetchFollowsFallback` state it |
| LocationViewModels.CheckPermissionsOutcomes | AndroidClient/app/src/main/java/data/location/LocationViewModel.java:57-69 | hasPermission is the provider's answer; no permission → "Location permission required"; permission without services → "Please enable location services"; otherwise the error is untouched; location and loading never change |
| LocationViewModels.FetchOutcomes | AndroidClient/app/src/main/java/data/location/LocationViewModel.java:74-111 | every path ends with loading off; permission is checked before services, with their messages, and neither failure queries a device or changes the location; the error ends empty iff both gates pass and the fallback succeeds |
| LocationViewModels.FetchFollowsFallback | AndroidClient/app/src/main/java/data/location/LocationViewModel.java:91-109 | with both gates open the published outcome is the provider's fallback outcome |
| Activity.Route | AndroidClient/app/src/main/java/com/example/weatherforecast/MainActivity.java:234-241 | each handled error leads to exactly one UI action |
| Activity.MainActivity.constructor | AndroidClient/app/src/main/java/com/example/weatherforecast/MainActivity.java:59-64 | the activity starts with its own fresh error handler |
| Activity.MainActivity.HasAllPermissions | AndroidClient/app/src/main/java/com/example/weatherforecast/MainActivity.java:325-332 | the loop finds every required permission granted iff each one is |
| Activity.MainActivity.OnLocation | AndroidClient/app/src/main/java/com/example/weatherforecast/MainActivity.java:141-153 | a non-null location loads current weather and forecast there; null does nothing |
| Activity.MainActivity.OnLocationError | AndroidClient/app/src/main/java/com/example/weatherforecast/MainActivity.java:156-188 | the error string maps as LocationErrorActions says, and exactly the mapped error is logged |
| Activity.MainActivity.OnWeatherErrorState | AndroidClient/app/src/main/java/com/example/weatherforecast/MainActivity.java:211-215 | a non-null error state is routed; null does nothing |
| Activity.MainActivity.OnWeatherErrorMessage | AndroidClient/app/src/main/java/com/example/weatherforecast/MainActivity.java:218-228 | a non-empty message becomes a non-critical UNKNOWN_ERROR that is logged and routed; null or empty does nothing |
| Activity.MainActivity.HandleError | AndroidClient/app/src/main/java/com/example/weatherforecast/MainActivity.java:234-241 | the routing decision is Route |
| Activity.MainActivity.ShowErrorSnackbar | AndroidClient/app/src/main/java/com/example/weatherforecast/MainActivity.java:262-273 | the snackbar offers Retry iff `isRetryPossible` |
| Activity.MainActivity.UseDefaultLocation | AndroidClient/app/src/main/java/com/example/weatherforecast/MainActivity.java:373-384 | both loads at (55.7558, 37.6173) |
| Activity.MainActivity.RetryWeatherRequest | AndroidClient/app/src/main/java/com/example/weatherforecast/MainActivity.java:278-302 | offline: one critical NETWORK_UNAVAILABLE is logged and shown, nothing else; online: clear the error, then load at the current or the default location |
| Activity.MainActivity.CheckLocationPermissions | AndroidClient/app/src/main/java/com/example/weatherforecast/MainActivity.java:319-353 | the actions follow CheckLocationActions, and a non-critical LOCATION_SERVICES_DISABLED is logged exactly when both permissions are held and services are off |
| Activity.MainActivity.OnPermissionResult | AndroidClient/app/src/main/java/com/example/weatherforecast/MainActivity.java:46-56 | all granted → check permissions and fetch the location; otherwise the rationale or the settings dialog |
| Activity.MainActivity.OnResume | AndroidClient/app/src/main/java/com/example/weatherforecast/MainActivity.java:466-482 | the location is fetched iff permission and services are available; offline, a non-critical NETWORK_UNAVAILABLE is logged and routed |
| Activity.MainActivity.OnDestroy | AndroidClient/app/src/main/java/com/example/weatherforecast/MainActivity.java:485-490 | the location provider is shut down |
| Activity.LocationErrorActions | AndroidClient/app/src/main/java/com/example/weatherforecast/MainActivity.java:156-188 | the UI actions for a location error string; `LocationErrorMapping`, `PermissionTextShowsScreen`, `GpsTextShowsSnackbar` and `NoKeywordShowsUnavailable` state them |
| Activity.RetryActions | AndroidClient/app/src/main/java/com/example/weatherforecast/MainActivity.java:278-302 | the UI actions of a retry; `RetryRules` states them |
| Activity.CheckLocationActions | AndroidClient/app/src/main/java/com/example/weatherforecast/MainActivity.java:319-353 | the UI actions of the permission check; `ActivityStricterThanProvider` and `ServicesOffFallsBackToDefault` state them |
| Activity.RoutingIsExclusive | AndroidClient/app/src/main/java/com/example/weatherforecast/MainActivity.java:234-273 | the error screen is shown iff `shouldShowErrorScreen`, otherwise a snackbar whose Retry follows `isRetryPossible`; the action carries the error itself |
| Activity.LocationErrorMapping | AndroidClient/app/src/main/java/com/example/weatherforecast/MainActivity.java:156-188 | first match: "permission" → LOCATION_PERMISSION_DENIED critical, "GPS" → LOCATION_SERVICES_DISABLED, else LOCATION_UNAVAILABLE; the default location is loaded iff a keyword occurs; null and empty are ignored |
| Activity.PermissionTextShowsScreen | AndroidClient/app/src/main/java/com/example/weatherforecast/MainActivity.java:160-186 | a permission message opens the error screen and then loads the default location |
| Activity.GpsTextShowsSnackbar | AndroidClient/app/src/main/java/com/example/weatherforecast/MainActivity.java:163-186 | a GPS message shows a snackbar with Retry and loads the default location |
| Activity.NoKeywordShowsUnavailable | AndroidClient/app/src/main/java/com/example/weatherforecast/MainActivity.java:166-186 | any other non-empty message shows a LOCATION_UNAVAILABLE snackbar and loads nothing |
| Activity.ServicesMessageIsUnavailable | AndroidClient/app/src/main/java/com/example/weatherforecast/MainActivity.java:156-188 | "Please enable location services" contains neither keyword, so it is LOCATION_UNAVAILABLE and triggers no default load |
| Activity.PermissionMessageOpensErrorScreen | AndroidClient/app/src/main/java/com/example/weatherforecast/MainActivity.java:156-188 | the view model's "Location permission required" opens the error screen and loads the default location |
| Activity.GpsMessageUsesDefault | AndroidClient/app/src/main/java/com/example/weatherforecast/MainActivity.java:156-188 | the view model's "Please enable GPS" shows a snackbar and loads the default location |
| Activity.RetryRules | AndroidClient/app/src/main/java/com/example/weatherforecast/MainActivity.java:278-302 | offline retry only shows the critical error; online retry first clears the error, then makes two loads, at the default location when none is known |
| Activity.ActivityStricterThanProvider | AndroidClient/app/src/main/java/com/example/weatherforecast/MainActivity.java:319-332 | fine-only permission satisfies the provider but not the activity, which asks for both permissions again |
| Activity.ServicesOffFallsBackToDefault | AndroidClient/app/src/main/java/com/example/weatherforecast/MainActivity.java:336-348 | with both permissions and services off: check permissions, report LOCATION_SERVICES_DISABLED non-critically, load the default location |
| ServerApp.ValidateCoordinates | Server/app.py:12-18 | whether two query values are valid coordinates; `ValidateCoordinatesExactly` and `BoundsAreInclusive` state it |
| ServerApp.CreateResponse | Server/app.py:21-28 | the JSON envelope and HTTP code; `CreateResponseDefaults` states its defaults |
| ServerApp.Status | Server/app.py:30-36 | the `/status` answer; `CreateResponseDefaults` states it |
| ServerApp.WeatherCurrent | Server/app.py:39-83 | the `/weather/current` answer; `CurrentLadder` and `ErrorsCarryNoData` state each outcome |
| ServerApp.WeatherForecast | Server/app.py:85-126 | the `/weather/forecast` answer; `SameLadder` and `ErrorsCarryNoData` state it |
| ServerApp.ValidateCoordinatesExactly | Server/app.py:12-18 | validation holds iff both values parse and lie in [-90, 90] and [-180, 180]; unparsable input gives false |
| ServerApp.BoundsAreInclusive | Server/app.py:12-18 | the bounds themselves are accepted and a latitude beyond 90 is refused |
| ServerApp.CreateResponseDefaults | Server/app.py:21-36 | the defaults are data null, status "success", message "" and HTTP 200; /status answers 200 success "Server is operational" |
| ServerApp.CurrentLadder | Server/app.py:39-83 | missing or empty parameter → 400 before any range check; out of range → 400; no city → 404; provider exception → 500 "Server error: …"; otherwise 200 with the data |
| ServerApp.ErrorsCarryNoData | Server/app.py:39-126 | every answer of both routes is 200, 400, 404 or 500; it is "success" iff 200; every error carries status "error" and null data |
| ServerApp.SameLadder | Server/app.py:85-126 | the forecast route answers with the same status and envelope as the current route, except the success message |
| ServerStats.Increment | Server/log_manager.py:191-199 | the key is created at 0 if absent and raised by one; every other count and no other key changes |
| ServerStats.IncrementAddsOne | Server/log_manager.py:188-199 | one increment raises the sum of a count map by exactly one |
| ServerStats.Tally | Server/log_manager.py:188-199 | one request counted under its endpoint and its code keeps both map sums equal to the request total |
| ServerStats.StatusKeysSeparate | Server/log_manager.py:196-199 | different status codes are counted under different keys |
| ServerStats.LogManager.constructor | Server/log_manager.py:13-49 | fresh statistics, then the start-up request counted under "SYSTEM" with code "200" |
| ServerStats.LogManager.UpdateRequestStats | Server/log_manager.py:179-204 | the total rises by one, the endpoint and code counts by one each, the errors stay, and both sums stay equal to the total |
| ServerStats.LogManager.UpdateErrorStats | Server/log_manager.py:206-217 | only the error counter rises, by one |
| ServerStats.LogManager.LogRequest | Server/log_manager.py:99-127 | the request statistics are updated exactly once |
| ServerStats.LogManager.LogError | Server/log_manager.py:129-157 | the error statistics are updated exactly once |
| ServerStats.LogManager.GetStats | Server/log_manager.py:227-233 | the snapshot is the current counters, with both sums equal to the total |
| Text.NatToStringRoundTrip | AndroidClient/app/src/main/java/data/repository/WeatherRepository.java:413-422 | decimal rendering of a status code reads back to the same number |
| Text.IntToStringInjective | Server/log_manager.py:196 | `str(code)` is injective |

## Left out

- Platform oracles: connectivity (`ErrorHandler.isNetworkAvailable`), permission checks, `LocationManager` and the fused location client. They are parameters of the operations; they are not implemented.
- Retrofit and OkHttp: construction, timeouts, interceptors and the base URL (WeatherRepository.java:55-90). The remote call is the `HttpOutcome` parameter.
- The repository's singleton accessors (WeatherRepository.java:93-113). One repository object is constructed.
- Asynchrony: `enqueue` callbacks, executors, `postValue` vs `setValue` and `Looper`. Every fetch and location request runs synchronously with its outcome supplied, so the model says nothing about interleavings.
- Logging and telemetry I/O:
  - the client's `LogManager.java` and every `Log.*` call;
  - the server's rotating log files, the JSON statistics file, `log_client`, `cleanup_old_logs` and console output;
  - the recovery path where `_init_stats()` returns None (log_manager.py:184-185, 211-212). The statistics live in memory.
- Floating point:
  - Coordinates are `real` values. The cache key is the coordinate pair rather than the `Double.toString` text `lat + "," + lon`, so 0.0 and -0.0, which the client keys apart, share one entry here.
  - The server's `float()` parsing is an abstract partial `parse` function; NaN and infinities are not modelled.
  - `response_time_ms` rounding is not modelled.
- Clock-derived values: the `ErrorState` timestamp (`ToString` takes it as a parameter), `datetime.utcnow()` (a `now` parameter) and the back-press timing in MainActivity.
- UI rendering and navigation:
  - weather fragments and adapters;
  - Snackbar, Toast and dialog display, and fragment transactions;
  - the loading indicator;
  - `requestLocationPermission` and `handleNavigationError`;
  - the error page's details text (only its visibility) and its Settings intent.
- CurrentWeather and ForecastData are left as opaque data. They are Gson records with no behaviour.
- GetCurrentWeatherUseCase and GetForecastUseCase are not part of this model. They call a `getErrorMessage()` that WeatherRepository does not define. The view model reacts directly to what the repository publishes.
- MainActivity observes both the error state and the error text of the weather view model, and a use-case error sets both. The two reactions are modelled separately (`OnWeatherErrorState`, `OnWeatherErrorMessage`); their combination, which shows the error twice, is not stated.
- Server/weather_provider.py is not part of this model. Its city lookup is an abstract map from the raw query strings, and its data read is an abstract function that yields data or raises.
- Server/test_logging.py is not part of this model. It exercises endpoints that app.py does not define.

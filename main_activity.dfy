/** The main activity's decision logic: how it turns location errors, weather
    errors and permission answers into error displays, retries and weather
    loads. Each handler returns the calls it makes on the view models and
    the screen, in order, as `Action`s; the activity's own error handler
    logs the errors it builds. Views, dialogs, toasts and navigation are
    not modelled. */
module Activity {
  import opened Wrappers
  import opened Text
  import opened ErrorTypes
  import opened ErrorStates
  import opened ErrorHandling
  import opened Locations
  import opened WeatherViewModels

  const RetryOfflineMessage: string := "No internet connection for retry"
  const ResumeOfflineMessage: string := "No internet connection"
  const ServicesDisabledMessage: string := "Please enable location services"

  /** A call the activity makes. */
  datatype Action =
    | ShowErrorScreen(error: ErrorState)
    | ShowSnackbar(error: ErrorState, withRetry: bool)
    | ClearWeatherError
    | LoadCurrentWeather(latitude: real, longitude: real)
    | LoadForecast(latitude: real, longitude: real)
    | CheckPermissions
    | FetchCurrentLocation
    | RequestPermissions(permissions: seq<Permission>)
    | ShowRationaleDialog
    | ShowSettingsDialog
    | ShutdownProvider

  /** `handleError(e)`: the error screen when the handler says so, otherwise
      a snackbar, with a Retry action exactly when a retry is possible. */
  function Route(e: ErrorState): (r: seq<Action>)
    ensures |r| == 1
  {
    if ShouldShowErrorScreen(e) then [ShowErrorScreen(e)]
    else [ShowSnackbar(e, IsRetryPossible(e))]
  }

  /** Both loads at one place. */
  function LoadsAt(lat: real, lon: real): seq<Action> {
    [LoadCurrentWeather(lat, lon), LoadForecast(lat, lon)]
  }

  /** `useDefaultLocation()`. */
  function DefaultLoads(): seq<Action> {
    LoadsAt(DefaultLatitude, DefaultLongitude)
  }

  /** The error state the location-error observer builds from a text: the
      first keyword that matches decides the type; the text is kept. */
  function LocationErrorState(msg: string): ErrorState {
    if Contains(msg, "permission") then NewErrorState(LocationPermissionDenied, Some(msg), None, true)
    else if Contains(msg, "GPS") then NewErrorState(LocationServicesDisabled, Some(msg), None, false)
    else NewErrorState(LocationUnavailable, Some(msg), None, false)
  }

  /** Whether a location error falls back to the default location. */
  predicate UsesDefaultLocation(msg: string) {
    Contains(msg, "permission") || Contains(msg, "GPS")
  }

  /** The location-error observer: a null or empty text is ignored. */
  function LocationErrorActions(error: Option<string>): seq<Action> {
    match error
    case None => []
    case Some(msg) =>
      if msg == "" then []
      else Route(LocationErrorState(msg)) + (if UsesDefaultLocation(msg) then DefaultLoads() else [])
  }

  /** The errors an observer or handler logs: one for each error it builds. */
  function LoggedFor(error: Option<string>): seq<ErrorState> {
    match error
    case None => []
    case Some(msg) => if msg == "" then [] else [LocationErrorState(msg)]
  }

  /** The error the string observer on the weather view model builds. */
  function WeatherMessageError(msg: string): ErrorState {
    NewErrorState(UnknownError, Some(msg), None, false)
  }

  /** `retryWeatherRequest()`, given connectivity and the location view
      model's current location. */
  function RetryActions(online: bool, current: Option<Location>): seq<Action> {
    if !online then Route(NewErrorState(NetworkUnavailable, Some(RetryOfflineMessage), None, true))
    else [ClearWeatherError] + match current
      case Some(l) => LoadsAt(l.latitude, l.longitude)
      case None => DefaultLoads()
  }

  /** `checkLocationPermissions()`: both permissions required. */
  function CheckLocationActions(perms: Permissions, status: ProviderStatus): seq<Action> {
    if perms.fine && perms.coarse then
      [CheckPermissions] +
      if IsLocationEnabled(status) then [FetchCurrentLocation]
      else Route(NewErrorState(LocationServicesDisabled, Some(ServicesDisabledMessage), None, false)) + DefaultLoads()
    else [RequestPermissions(RequestedPermissions)]
  }

  /** The permission-result callback's test: every answer is a grant (an
      empty answer counts as all granted). */
  predicate AllGranted(results: map<Permission, bool>) {
    forall p :: p in results ==> results[p]
  }

  /** Whether each required permission is granted, by the activity's loop. */
  predicate AllRequiredGranted(required: seq<Permission>, perms: Permissions) {
    forall i :: 0 <= i < |required| ==> perms.Granted(required[i])
  }

  class MainActivity {
    const handler: ErrorHandler

    ghost predicate Valid()
      reads this, handler
    {
      handler.Valid()
    }

    constructor ()
      ensures Valid() && fresh(handler) && handler.logged == []
    {
      handler := new ErrorHandler();
    }

    /** The loop in `checkLocationPermissions`: stops at the first
        permission not granted. */
    method HasAllPermissions(required: seq<Permission>, perms: Permissions) returns (has: bool)
      ensures has <==> AllRequiredGranted(required, perms)
    {
      has := true;
      var i := 0;
      while i < |required|
        invariant 0 <= i <= |required|
        invariant forall j :: 0 <= j < i ==> perms.Granted(required[j])
      {
        if !perms.Granted(required[i]) {
          has := false;
          break;
        }
        i := i + 1;
      }
    }

    /** The location observer: a non-null location loads weather there. */
    method OnLocation(location: Option<Location>) returns (actions: seq<Action>)
      ensures location.None? ==> actions == []
      ensures location.Some? ==> actions == LoadsAt(location.value.latitude, location.value.longitude)
    {
      actions := [];
      if location.Some? {
        var l := location.value;
        actions := [LoadCurrentWeather(l.latitude, l.longitude), LoadForecast(l.latitude, l.longitude)];
      }
    }

    /** The location-error observer. */
    method OnLocationError(error: Option<string>) returns (actions: seq<Action>)
      requires Valid()
      modifies handler
      ensures Valid()
      ensures actions == LocationErrorActions(error)
      ensures handler.logged == old(handler.logged) + LoggedFor(error)
    {
      if error.None? || error.value == "" {
        return [];
      }
      var msg := error.value;
      var e: ErrorState;
      if Contains(msg, "permission") {
        e := handler.HandleTypeWithMessage(LocationPermissionDenied, Some(msg), true);
      } else if Contains(msg, "GPS") {
        e := handler.HandleTypeWithMessage(LocationServicesDisabled, Some(msg), false);
      } else {
        e := handler.HandleTypeWithMessage(LocationUnavailable, Some(msg), false);
      }
      assert e == LocationErrorState(msg);
      assert handler.logged == old(handler.logged) + LoggedFor(error);
      actions := HandleError(e);
      if UsesDefaultLocation(msg) {
        var d := UseDefaultLocation();
        actions := actions + d;
      }
    }

    /** The observer on the weather view model's error state. */
    method OnWeatherErrorState(e: Option<ErrorState>) returns (actions: seq<Action>)
      ensures e.None? ==> actions == []
      ensures e.Some? ==> actions == Route(e.value)
    {
      actions := [];
      if e.Some? {
        actions := HandleError(e.value);
      }
    }

    /** The observer on the weather view model's error text: a non-empty
        text becomes a non-critical unknown error. */
    method OnWeatherErrorMessage(msg: Option<string>) returns (actions: seq<Action>)
      requires Valid()
      modifies handler
      ensures Valid()
      ensures msg.None? || msg == Some("") ==> actions == [] && handler.logged == old(handler.logged)
      ensures msg.Some? && msg.value != "" ==>
        actions == Route(WeatherMessageError(msg.value))
        && handler.logged == old(handler.logged) + [WeatherMessageError(msg.value)]
    {
      actions := [];
      if msg.Some? && msg.value != "" {
        var e := handler.HandleTypeWithMessage(UnknownError, Some(msg.value), false);
        actions := HandleError(e);
      }
    }

    /** `handleError(e)`. */
    method HandleError(e: ErrorState) returns (actions: seq<Action>)
      ensures actions == Route(e)
    {
      if ShouldShowErrorScreen(e) {
        actions := [ShowErrorScreen(e)];
      } else {
        actions := ShowErrorSnackbar(e);
      }
    }

    /** `showErrorSnackbar(e)`: Retry offered exactly when possible. */
    method ShowErrorSnackbar(e: ErrorState) returns (actions: seq<Action>)
      ensures actions == [ShowSnackbar(e, IsRetryPossible(e))]
    {
      if IsRetryPossible(e) {
        actions := [ShowSnackbar(e, true)];
      } else {
        actions := [ShowSnackbar(e, false)];
      }
    }

    /** `useDefaultLocation()`. */
    method UseDefaultLocation() returns (actions: seq<Action>)
      ensures actions == DefaultLoads()
    {
      actions := [LoadCurrentWeather(DefaultLatitude, DefaultLongitude), LoadForecast(DefaultLatitude, DefaultLongitude)];
    }

    /** `retryWeatherRequest()`. */
    method RetryWeatherRequest(online: bool, current: Option<Location>) returns (actions: seq<Action>)
      requires Valid()
      modifies handler
      ensures Valid()
      ensures actions == RetryActions(online, current)
      ensures handler.logged == old(handler.logged)
        + (if online then [] else [NewErrorState(NetworkUnavailable, Some(RetryOfflineMessage), None, true)])
    {
      if !online {
        var e := handler.HandleTypeWithMessage(NetworkUnavailable, Some(RetryOfflineMessage), true);
        actions := HandleError(e);
        return;
      }
      actions := [ClearWeatherError];
      if current.Some? {
        var l := current.value;
        actions := actions + [LoadCurrentWeather(l.latitude, l.longitude), LoadForecast(l.latitude, l.longitude)];
      } else {
        var d := UseDefaultLocation();
        actions := actions + d;
      }
    }

    /** `checkLocationPermissions()`. */
    method CheckLocationPermissions(perms: Permissions, status: ProviderStatus) returns (actions: seq<Action>)
      requires Valid()
      modifies handler
      ensures Valid()
      ensures actions == CheckLocationActions(perms, status)
      ensures handler.logged == old(handler.logged)
        + (if perms.fine && perms.coarse && !IsLocationEnabled(status)
           then [NewErrorState(LocationServicesDisabled, Some(ServicesDisabledMessage), None, false)] else [])
    {
      var required := [FineLocation, CoarseLocation];
      var has := HasAllPermissions(required, perms);
      assert has <==> perms.fine && perms.coarse by {
        assert required[0] == FineLocation && required[1] == CoarseLocation;
      }
      if has {
        actions := [CheckPermissions];
        if IsLocationEnabled(status) {
          actions := actions + [FetchCurrentLocation];
        } else {
          var e := handler.HandleTypeWithMessage(LocationServicesDisabled, Some(ServicesDisabledMessage), false);
          var shown := HandleError(e);
          var d := UseDefaultLocation();
          actions := actions + shown + d;
        }
      } else {
        actions := [RequestPermissions(required)];
      }
    }

    /** The permission-result callback: all granted leads to a permission
        check and a fetch; otherwise the denial dialog, the rationale one
        when the platform advises it. */
    method OnPermissionResult(results: map<Permission, bool>, showRationale: bool) returns (actions: seq<Action>)
      ensures AllGranted(results) ==> actions == [CheckPermissions, FetchCurrentLocation]
      ensures !AllGranted(results) ==> actions == [if showRationale then ShowRationaleDialog else ShowSettingsDialog]
    {
      if AllGranted(results) {
        actions := [CheckPermissions, FetchCurrentLocation];
      } else if showRationale {
        actions := [ShowRationaleDialog];
      } else {
        actions := [ShowSettingsDialog];
      }
    }

    /** `onResume()`: fetch when location is usable, and report a missing
        network. */
    method OnResume(perms: Permissions, status: ProviderStatus, online: bool) returns (actions: seq<Action>)
      requires Valid()
      modifies handler
      ensures Valid()
      ensures actions ==
        (if HasLocationPermission(perms) && IsLocationEnabled(status) then [FetchCurrentLocation] else [])
        + (if online then [] else Route(NewErrorState(NetworkUnavailable, Some(ResumeOfflineMessage), None, false)))
      ensures handler.logged == old(handler.logged)
        + (if online then [] else [NewErrorState(NetworkUnavailable, Some(ResumeOfflineMessage), None, false)])
    {
      actions := [];
      if HasLocationPermission(perms) && IsLocationEnabled(status) {
        actions := [FetchCurrentLocation];
      }
      if !online {
        var e := handler.HandleTypeWithMessage(NetworkUnavailable, Some(ResumeOfflineMessage), false);
        var shown := HandleError(e);
        actions := actions + shown;
      }
    }

    /** `onDestroy()`. */
    method OnDestroy() returns (actions: seq<Action>)
      ensures actions == [ShutdownProvider]
    {
      actions := [ShutdownProvider];
    }
  }

  /** Every error is routed to exactly one display: the error screen exactly
      when the handler asks for it, otherwise a snackbar whose Retry follows
      `isRetryPossible`. */
  lemma RoutingIsExclusive(e: ErrorState)
    ensures Route(e)[0].ShowErrorScreen? <==> ShouldShowErrorScreen(e)
    ensures Route(e)[0].ShowSnackbar? ==> Route(e)[0].withRetry == IsRetryPossible(e)
    ensures Route(e)[0].error == e
  {
  }

  /** The location-error mapping by first match, and the default-location
      rule: the defaults are loaded exactly for "permission" or "GPS" texts,
      and a null or empty text does nothing. */
  lemma LocationErrorMapping(msg: string)
    ensures var e := LocationErrorState(msg);
      && e.message == msg && e.throwable.None?
      && (Contains(msg, "permission") ==> e.errorType == LocationPermissionDenied && e.isCritical)
      && (!Contains(msg, "permission") && Contains(msg, "GPS") ==> e.errorType == LocationServicesDisabled && !e.isCritical)
      && (!Contains(msg, "permission") && !Contains(msg, "GPS") ==> e.errorType == LocationUnavailable && !e.isCritical)
    ensures msg != "" ==>
      (LocationErrorActions(Some(msg)) == Route(LocationErrorState(msg)) + DefaultLoads() <==> UsesDefaultLocation(msg))
    ensures LocationErrorActions(None) == [] && LocationErrorActions(Some("")) == []
  {
    if msg != "" && LocationErrorActions(Some(msg)) == Route(LocationErrorState(msg)) + DefaultLoads() {
      assert |LocationErrorActions(Some(msg))| == 3;
    }
  }

  /** A text with "permission": the error screen for a critical
      permission error, then the default loads. */
  lemma PermissionTextShowsScreen(msg: string)
    requires Contains(msg, "permission")
    ensures LocationErrorActions(Some(msg))
      == [ShowErrorScreen(ErrorState(LocationPermissionDenied, msg, None, true))] + DefaultLoads()
  {
  }

  /** A text with "GPS" but not "permission": a non-critical "services
      disabled" snackbar with Retry, then the default loads. */
  lemma GpsTextShowsSnackbar(msg: string)
    requires !Contains(msg, "permission") && Contains(msg, "GPS")
    ensures LocationErrorActions(Some(msg))
      == [ShowSnackbar(ErrorState(LocationServicesDisabled, msg, None, false), true)] + DefaultLoads()
  {
  }

  /** A non-empty text with neither keyword: a non-critical "location
      unavailable" snackbar with Retry, and nothing loaded. */
  lemma NoKeywordShowsUnavailable(msg: string)
    requires msg != "" && !Contains(msg, "permission") && !Contains(msg, "GPS")
    ensures LocationErrorActions(Some(msg))
      == [ShowSnackbar(ErrorState(LocationUnavailable, msg, None, false), true)]
  {
  }

  /** "Please enable location services" has no 'm', so no "permission". */
  lemma ServicesMessageLacksPermission()
    ensures !Contains(ServicesDisabledMessage, "permission")
  {
    MissingCharNotContained(ServicesDisabledMessage, "permission", 'm');
  }

  /** ... and no 'G', so no "GPS". */
  lemma ServicesMessageLacksGps()
    ensures !Contains(ServicesDisabledMessage, "GPS")
  {
    MissingCharNotContained(ServicesDisabledMessage, "GPS", 'G');
  }

  /** The "enable services" text (from the location view model, and the one
      the activity reports itself) matches neither keyword: it is shown as
      a non-critical "location unavailable" snackbar with Retry, and no
      default location is loaded. */
  lemma ServicesMessageIsUnavailable()
    ensures !UsesDefaultLocation(ServicesDisabledMessage)
    ensures LocationErrorState(ServicesDisabledMessage) == ErrorState(LocationUnavailable, ServicesDisabledMessage, None, false)
    ensures LocationErrorActions(Some(ServicesDisabledMessage))
      == [ShowSnackbar(ErrorState(LocationUnavailable, ServicesDisabledMessage, None, false), true)]
  {
    ServicesMessageLacksPermission();
    ServicesMessageLacksGps();
    NoKeywordShowsUnavailable(ServicesDisabledMessage);
  }

  /** "Location permission required" contains "permission". */
  lemma PermissionMessageHasKeyword()
    ensures Contains("Location permission required", "permission")
  {
    assert "Location permission required" == "Location " + "permission" + " required";
    ContainsMiddle("Location ", "permission", " required");
  }

  /** The location view model's permission text opens the error screen for a
      critical permission error and loads the default location. */
  lemma PermissionMessageOpensErrorScreen()
    ensures LocationErrorActions(Some("Location permission required"))
      == [ShowErrorScreen(ErrorState(LocationPermissionDenied, "Location permission required", None, true))] + DefaultLoads()
  {
    PermissionMessageHasKeyword();
    PermissionTextShowsScreen("Location permission required");
  }

  /** "Please enable GPS" has no 'm', so no "permission". */
  lemma GpsMessageLacksPermission()
    ensures !Contains("Please enable GPS", "permission")
  {
    MissingCharNotContained("Please enable GPS", "permission", 'm');
  }

  /** "Please enable GPS" contains "GPS". */
  lemma GpsMessageHasGps()
    ensures Contains("Please enable GPS", "GPS")
  {
    assert "Please enable GPS" == "Please enable " + "GPS" + "";
    ContainsMiddle("Please enable ", "GPS", "");
  }

  /** The location view model's GPS text becomes a non-critical
      "services disabled" snackbar with Retry, plus the default loads. */
  lemma GpsMessageUsesDefault()
    ensures LocationErrorActions(Some("Please enable GPS"))
      == [ShowSnackbar(ErrorState(LocationServicesDisabled, "Please enable GPS", None, false), true)] + DefaultLoads()
  {
    GpsMessageLacksPermission();
    GpsMessageHasGps();
    GpsTextShowsSnackbar("Please enable GPS");
  }

  /** A retry offline reports a critical "no network" on the error screen and
      neither clears the weather error nor loads; online it clears the
      error first and loads both at the current or default location. */
  lemma RetryRules(current: Option<Location>)
    ensures RetryActions(false, current)
      == [ShowErrorScreen(ErrorState(NetworkUnavailable, RetryOfflineMessage, None, true))]
    ensures RetryActions(true, current)[0] == ClearWeatherError && |RetryActions(true, current)| == 3
    ensures current.None? ==> RetryActions(true, current)[1..] == DefaultLoads()
  {
  }

  /** The activity's permission check needs both permissions, which is
      stricter than the provider's test: fine permission alone satisfies the
      provider but makes the activity ask again. */
  lemma ActivityStricterThanProvider(status: ProviderStatus)
    ensures AllRequiredGranted(RequestedPermissions, Permissions(true, false)) == false
    ensures HasLocationPermission(Permissions(true, false))
    ensures CheckLocationActions(Permissions(true, false), status) == [RequestPermissions([FineLocation, CoarseLocation])]
  {
    assert !Permissions(true, false).Granted(RequestedPermissions[1]);
  }

  /** With both permissions but location services off, the activity reports
      a non-critical "services disabled" snackbar with Retry and loads the
      default location. */
  lemma ServicesOffFallsBackToDefault()
    ensures CheckLocationActions(Permissions(true, true), Providers(false, false))
      == [CheckPermissions, ShowSnackbar(ErrorState(LocationServicesDisabled, ServicesDisabledMessage, None, false), true)] + DefaultLoads()
  {
  }
}
